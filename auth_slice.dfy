/**
  The auth slice of the Redux store: the session token, whether the session
  is authenticated, the logged-in user, the profile being viewed, two loading
  flags, and the last error and message. Every reducer case assigns fields of
  the state in place, so the slice is a class whose methods are the cases.
 */
module AuthSlice {
  import opened Js

  /** The request kinds that have pending/fulfilled/rejected cases. */
  datatype Request =
    | Signup | Signin | CheckToken | VerifyEmail | ForgotPassword
    | ResetPassword | GetProfile | UpdateProfile | ChangePassword

  /** The four requests whose fulfilled case stores `payload.message`. */
  predicate ReportsMessage(r: Request)
  {
    r.Signup? || r.VerifyEmail? || r.ForgotPassword? || r.ResetPassword?
  }

  /** A picture of every field of the slice. */
  datatype AuthState = AuthState(
    token: Value,
    isAuthenticated: Value,
    user: Option<Obj>,
    viewedProfile: Option<Obj>,
    viewedProfileLoading: bool,
    loading: bool,
    error: Value,
    message: Value)

  /** The user object a profile case stores for the logged-in user:
      `{ ...profile, token: user.token, userId: user.userId }`. It carries the
      profile's data under the session's identity. */
  function KeepIdentity(profile: Obj, user: Obj): (r: Obj)
    ensures Get(r, "token") == Get(user, "token")
    ensures Get(r, "userId") == Get(user, "userId")
    ensures forall k :: k != "token" && k != "userId" ==> Get(r, k) == Get(profile, k)
  {
    With(With(profile, "token", Get(user, "token")), "userId", Get(user, "userId"))
  }

  /** `state.user?.userId === id`: the identity test of the two profile cases. */
  predicate IsSelf(user: Option<Obj>, id: Value)
  {
    GetOpt(user, "userId") == id
  }

  /** Fetching one's own profile keeps one's identity, so the merged user
      still passes the identity test of the next fetch, and fetching the same
      profile again changes nothing more. */
  lemma OwnProfileRefreshStable(profile: Obj, user: Obj)
    requires IsSelf(Some(user), Get(profile, "_id"))
    ensures IsSelf(Some(KeepIdentity(profile, user)), Get(profile, "_id"))
    ensures KeepIdentity(profile, KeepIdentity(profile, user)) == KeepIdentity(profile, user)
  {
    var once := KeepIdentity(profile, user);
    var twice := KeepIdentity(profile, once);
    assert twice.Keys == once.Keys;
    forall k | k in once ensures twice[k] == once[k] {
      assert Get(twice, k) == Get(once, k);
    }
  }

  /** The index of the first cookie row, at or after `from`, that starts with
      `token=` (`rows.find(row => row.startsWith('token='))`). */
  function FindTokenRow(rows: seq<string>, from: nat): (r: Option<nat>)
    ensures r.Some? ==> from <= r.value < |rows| && StartsWith(rows[r.value], "token=")
    ensures r.Some? ==> forall j :: from <= j < r.value ==> !StartsWith(rows[j], "token=")
    ensures r.None? ==> forall j :: from <= j < |rows| ==> !StartsWith(rows[j], "token=")
    decreases |rows| - from
  {
    if from >= |rows| then None
    else if StartsWith(rows[from], "token=") then Some(from)
    else FindTokenRow(rows, from + 1)
  }

  /** The rows of a `document.cookie` string: `cookie.split('; ')`. */
  function CookieRows(cookie: string): seq<string>
  {
    Split(cookie, "; ")
  }

  /** The token `signin.fulfilled` reads from the cookie string:
      `cookie.split('; ').find(row => row.startsWith('token='))?.split('=')[1]`.
      It is `undefined` exactly when no row starts with `token=`; otherwise it
      is the text of the first such row from after `token=` up to the next
      `=` or the end of the row. */
  function CookieToken(cookie: string): (t: Value)
    ensures t == Undefined <==>
      forall j :: 0 <= j < |CookieRows(cookie)| ==> !StartsWith(CookieRows(cookie)[j], "token=")
    ensures t.Undefined? || t.Str?
    ensures t.Str? ==> Free(t.s, "=")
    ensures t.Str? ==> exists k :: TokenRowAt(CookieRows(cookie), k, t.s)
  {
    var rows := CookieRows(cookie);
    match FindTokenRow(rows, 0)
    case None => Undefined
    case Some(k) =>
      TokenValue(rows[k]);
      assert TokenRowAt(rows, k, Split(rows[k], "=")[1]);
      Str(Split(rows[k], "=")[1])
  }

  /** Row `k` is the first row starting with `token=`, and `v` is what follows
      `token=` in it up to the next `=` or the end of the row. */
  ghost predicate TokenRowAt(rows: seq<string>, k: int, v: string)
  {
    && 0 <= k < |rows|
    && StartsWith(rows[k], "token=" + v)
    && (|rows[k]| == 6 + |v| || rows[k][6 + |v|] == '=')
    && forall j :: 0 <= j < k ==> !StartsWith(rows[j], "token=")
  }

  /** `row.split('=')[1]` for a row starting with `token=`. */
  lemma TokenValue(row: string)
    requires StartsWith(row, "token=")
    ensures |Split(row, "=")| >= 2
    ensures var v := Split(row, "=")[1];
      Free(v, "=") && StartsWith(row, "token=" + v) && (|row| == 6 + |v| || row[6 + |v|] == '=')
  {
    SecondPieceAfterName(row);
    assert row == "token=" + row[6..] by { assert row[..6] == "token="; }
    FirstPiece(row[6..], "token=");
  }

  /** The second piece of a row starting with `token=` is the first piece of
      what follows `token=`. */
  lemma SecondPieceAfterName(row: string)
    requires StartsWith(row, "token=")
    ensures |Split(row, "=")| >= 2
    ensures Split(row, "=")[1] == Split(row[6..], "=")[0]
  {
    NameHasNoEquals();
    assert "token" + "=" == "token=";
    SplitAfterHead(row, "token", "=");
  }

  /** A cookie string holding only the token cookie `token=<v>`, where `v`
      holds no `=` and no `; `, yields `v` as the token. */
  lemma SingleTokenCookie(v: string)
    requires Free(v, "=") && Free(v, "; ")
    ensures CookieToken("token=" + v) == Str(v)
  {
    var s := "token=" + v;
    forall j: nat | OccursAt(s, "; ", j) ensures false {
      assert s[j] == (s[j..j + 2])[0] == ';';
      if j >= 6 {
        assert s[j..j + 2] == v[j - 6..j - 4];
        assert OccursAt(v, "; ", j - 6);
      }
    }
    SplitFree(s, "; ");
    assert StartsWith(s, "token=");
    assert FindTokenRow(CookieRows(s), 0) == Some(0);
    SecondPieceAfterName(s);
    assert s[6..] == v;
    SplitFree(v, "=");
  }

  /** The cookie name `token` holds no `=`. */
  lemma NameHasNoEquals()
    ensures Free("token", "=")
  {
    forall j: nat | j < 5 ensures !OccursAt("token", "=", j) {
      assert "token"[j..j + 1] == ["token"[j]];
      assert "token"[0] == 't' && "token"[1] == 'o' && "token"[2] == 'k';
      assert "token"[3] == 'e' && "token"[4] == 'n';
    }
  }

  /** The first piece of `rest.split('=')`, behind a fixed `prefix`, runs up to
      the next `=` or the end. */
  lemma FirstPiece(rest: string, prefix: string)
    ensures var v := Split(rest, "=")[0]; var row := prefix + rest;
      StartsWith(row, prefix + v) && (|row| == |prefix| + |v| || row[|prefix| + |v|] == '=')
  {
    var parts := Split(rest, "=");
    var v := parts[0];
    var row := prefix + rest;
    if |parts| > 1 {
      assert rest[..|v| + 1] == v + "=";
      assert rest[|v|] == (v + "=")[|v|];
      assert StartsWith(rest, v);
    } else {
      assert v == rest;
    }
    assert row[..|prefix| + |v|] == prefix + rest[..|v|];
  }

  class State {
    var token: Value
    var isAuthenticated: Value
    var user: Option<Obj>
    var viewedProfile: Option<Obj>
    var viewedProfileLoading: bool
    var loading: bool
    var error: Value
    var message: Value

    function Snapshot(): AuthState
      reads this
    {
      AuthState(token, isAuthenticated, user, viewedProfile,
                viewedProfileLoading, loading, error, message)
    }

    /** `initialState`. In a browser `stored` is `JSON.parse` of the `user`
        entry of local storage (`None` for `null`, which is also what a
        missing entry parses to); on the server every stored field is `null`.
        In a browser without a stored user the token is `undefined`, not
        `null`, because it is read with `?.token`. */
    constructor (inBrowser: bool, stored: Option<Obj>)
      ensures token == (if inBrowser then GetOpt(stored, "token") else Null)
      ensures isAuthenticated == Bool(Truthy(token))
      ensures user == (if inBrowser then stored else None)
      ensures viewedProfile == None && !viewedProfileLoading && !loading
      ensures error == Null && message == Null
    {
      var t := if inBrowser then GetOpt(stored, "token") else Null;
      token := t;
      isAuthenticated := Bool(Truthy(t));
      user := if inBrowser then stored else None;
      viewedProfile := None;
      viewedProfileLoading := false;
      loading := false;
      error := Null;
      message := Null;
    }

    /** `setAuth`: installs the payload as the session's user. */
    method SetAuth(payload: Obj)
      modifies this
      ensures Snapshot() == old(Snapshot()).(
        token := Get(payload, "token"), isAuthenticated := Bool(true), user := Some(payload))
    {
      token := Get(payload, "token");
      isAuthenticated := Bool(true);
      user := Some(payload);
    }

    /** `logout` (the removal of the local-storage entry is not modelled). */
    method Logout()
      modifies this
      ensures Snapshot() == old(Snapshot()).(
        token := Null, isAuthenticated := Bool(false), user := None)
    {
      token := Null;
      isAuthenticated := Bool(false);
      user := None;
    }

    /** `clearError`. */
    method ClearError()
      modifies this
      ensures Snapshot() == old(Snapshot()).(error := Null)
    {
      error := Null;
    }

    /** `clearMessage`. */
    method ClearMessage()
      modifies this
      ensures Snapshot() == old(Snapshot()).(message := Null)
    {
      message := Null;
    }

    /** The `pending` case of request `r`. Only `getProfile` raises
        `viewedProfileLoading` instead of `loading`. */
    method Pending(r: Request)
      modifies this
      ensures r != GetProfile ==>
        Snapshot() == old(Snapshot()).(loading := true, error := Null)
      ensures r == GetProfile ==>
        Snapshot() == old(Snapshot()).(viewedProfileLoading := true, error := Null)
    {
      if r == GetProfile {
        viewedProfileLoading := true;
      } else {
        loading := true;
      }
      error := Null;
    }

    /** The `rejected` case of request `r` with the rejection value `payload`.
        `checkToken` also drops authentication; `getProfile` lowers
        `viewedProfileLoading` instead of `loading` and forgets the viewed
        profile. */
    method Rejected(r: Request, payload: Value)
      modifies this
      ensures r == CheckToken ==> Snapshot() == old(Snapshot()).(
        loading := false, isAuthenticated := Bool(false), error := payload)
      ensures r == GetProfile ==> Snapshot() == old(Snapshot()).(
        viewedProfileLoading := false, error := payload, viewedProfile := None)
      ensures r != CheckToken && r != GetProfile ==> Snapshot() == old(Snapshot()).(
        loading := false, error := payload)
    {
      if r == GetProfile {
        viewedProfileLoading := false;
        error := payload;
        viewedProfile := None;
      } else {
        loading := false;
        if r == CheckToken {
          isAuthenticated := Bool(false);
        }
        error := payload;
      }
    }

    /** The fulfilled case of `signup`, `verifyEmail`, `forgotPassword` and
        `resetPassword`: stores the server's message. */
    method MessageFulfilled(r: Request, payload: Obj)
      requires ReportsMessage(r)
      modifies this
      ensures Snapshot() == old(Snapshot()).(loading := false, message := Get(payload, "message"))
    {
      loading := false;
      message := Get(payload, "message");
    }

    /** `signin.fulfilled`: the payload becomes the user; the token changes
        only when the cookie string holds a non-empty `token=` value. */
    method SigninFulfilled(payload: Obj, cookie: string)
      modifies this
      ensures Snapshot() == old(Snapshot()).(
        loading := false, user := Some(payload), isAuthenticated := Bool(true),
        token := if Truthy(CookieToken(cookie)) then CookieToken(cookie) else old(token))
    {
      loading := false;
      user := Some(payload);
      isAuthenticated := Bool(true);
      var t := CookieToken(cookie);
      if Truthy(t) {
        token := t;
      }
    }

    /** `checkToken.fulfilled`: authentication is whatever `payload.valid` is. */
    method CheckTokenFulfilled(payload: Obj)
      modifies this
      ensures Snapshot() == old(Snapshot()).(
        loading := false, isAuthenticated := Get(payload, "valid"))
    {
      loading := false;
      isAuthenticated := Get(payload, "valid");
    }

    /** `getProfile.fulfilled`. The fetched profile always becomes the viewed
        one; when it is the logged-in user's own (`user?.userId ===
        payload._id`) it also replaces the user, keeping the session's token
        and userId. With no user and a payload without `_id` the test holds
        and reading `state.user.token` throws a TypeError: `threw` is then set
        and, the reducer having thrown, the store keeps its state. */
    method GetProfileFulfilled(payload: Obj) returns (threw: bool)
      modifies this
      ensures threw <==> old(user).None? && Get(payload, "_id") == Undefined
      ensures threw ==> Snapshot() == old(Snapshot())
      ensures !threw ==> Snapshot() == old(Snapshot()).(
        viewedProfileLoading := false,
        viewedProfile := Some(payload),
        user := if IsSelf(old(user), Get(payload, "_id"))
                then Some(KeepIdentity(payload, old(user).value)) else old(user))
      ensures GetOpt(user, "token") == GetOpt(old(user), "token")
      ensures GetOpt(user, "userId") == GetOpt(old(user), "userId")
    {
      var self := IsSelf(user, Get(payload, "_id"));
      if self && user.None? {
        return true;
      }
      threw := false;
      viewedProfileLoading := false;
      if self {
        user := Some(KeepIdentity(payload, user.value));
      }
      viewedProfile := Some(payload);
    }

    /** `updateProfile.fulfilled`, where `updated` is `action.payload.user`.
        The user is replaced (keeping token and userId) only when it is the
        updated profile's owner; the viewed profile only when it has the same
        `_id`. The same TypeError as in `getProfile.fulfilled` arises with no
        user and an updated profile without `_id`. */
    method UpdateProfileFulfilled(updated: Obj) returns (threw: bool)
      modifies this
      ensures threw <==> old(user).None? && Get(updated, "_id") == Undefined
      ensures threw ==> Snapshot() == old(Snapshot())
      ensures !threw ==> Snapshot() == old(Snapshot()).(
        loading := false,
        user := if IsSelf(old(user), Get(updated, "_id"))
                then Some(KeepIdentity(updated, old(user).value)) else old(user),
        viewedProfile := if GetOpt(old(viewedProfile), "_id") == Get(updated, "_id")
                         then Some(updated) else old(viewedProfile))
      ensures GetOpt(user, "token") == GetOpt(old(user), "token")
      ensures GetOpt(user, "userId") == GetOpt(old(user), "userId")
    {
      var id := Get(updated, "_id");
      var self := IsSelf(user, id);
      if self && user.None? {
        return true;
      }
      threw := false;
      if self {
        user := Some(KeepIdentity(updated, user.value));
      }
      if GetOpt(viewedProfile, "_id") == id {
        viewedProfile := Some(updated);
      }
      loading := false;
    }

    /** `changePassword.fulfilled`: the payload is the server's message. */
    method ChangePasswordFulfilled(payload: Value)
      modifies this
      ensures Snapshot() == old(Snapshot()).(loading := false, message := payload)
    {
      loading := false;
      message := payload;
    }
  }
}
