/** The session state the app context provides (src/context/AppContext.jsx): the active tab,
    the signed-in user and the browser's `localStorage`, where the user is kept across reloads
    under one key. `user` is a JavaScript value: `None` stands for `undefined`, `Some(Null)` for
    `null`. */
module AppSession {
  import opened Text
  import opened Json
  import ServerStore

  const UserKey := "cineMindUser"

  /** What `apiService.auth.login` settles with: the parsed body of a 2xx reply, or the message
      of the error it throws. */
  datatype LoginCall =
    | Answered(body: Value)
    | Threw(message: string)

  /** What `login` resolves to: `{ success: true }` or `{ success: false, error }`. */
  datatype LoginResult =
    | Succeeded
    | Failed(error: Value)

  /** The text `localStorage.setItem(key, JSON.stringify(v))` leaves: `JSON.stringify(undefined)`
      is `undefined`, which `setItem` stores as the text "undefined". */
  function StoredText(v: Option<Value>): string
  {
    match v
    case None => "undefined"
    case Some(w) => Serialize(w)
  }

  /** The outcome of the `user` initializer: the parsed stored value, or `null` when nothing
      (or the empty text) is stored; stored text that does not parse makes `JSON.parse` throw. */
  datatype Restored =
    | Restored(user: Value)
    | Corrupt

  function RestoreUser(saved: map<string, string>): Restored
  {
    if UserKey !in saved || saved[UserKey] == "" then Restored(Null)
    else match Parse(saved[UserKey])
      case Some(v) => Restored(v)
      case None => Corrupt
  }

  /** `response.success` is truthy. */
  predicate Accepts(call: LoginCall)
  {
    call.Answered? && Truthy(Field(Some(call.body), "success"))
  }

  /** The message of the `TypeError` that reading `response.success` on a `null` body throws,
      as V8 words it; the `catch` turns it into the login error. */
  const NullBodyError := "Cannot read properties of null (reading 'success')"

  /** The value `login` resolves to for a call outcome. */
  function LoginResultOf(call: LoginCall): (r: LoginResult)
    ensures r.Succeeded? <==> Accepts(call)
    ensures call.Answered? && call.body == Null ==> r == Failed(Str(NullBodyError))
    ensures call.Answered? && call.body != Null && !Accepts(call) ==>
      r.error == (if Truthy(Field(Some(call.body), "message")) then Field(Some(call.body), "message").value else Str("Login failed"))
    ensures call.Threw? ==> r.error == Str(if call.message != "" then call.message else "Server connection failed")
  {
    if Accepts(call) then Succeeded
    else if call.Answered? && call.body == Null then Failed(Str(NullBodyError))
    else if call.Answered? then Failed(OrElse(Field(Some(call.body), "message"), Str("Login failed")))
    else Failed(Str(if call.message != "" then call.message else "Server connection failed"))
  }

  class Session {
    var activeTab: string
    var user: Option<Value>
    var storage: map<string, string>

    /** `isLoggedIn: !!user`. */
    predicate IsLoggedIn()
      reads this
    {
      Truthy(user)
    }

    /** The provider mounting over the stored `saved` map. */
    constructor (saved: map<string, string>)
      requires RestoreUser(saved).Restored?
      ensures activeTab == "dashboard" && user == Some(RestoreUser(saved).user) && storage == saved
    {
      activeTab := "dashboard";
      user := Some(RestoreUser(saved).user);
      storage := saved;
    }

    /** `login(email, password)` once the call has settled with `call`: an accepted reply
        makes its `user` the session user and stores it; anything else changes nothing. */
    method Login(call: LoginCall) returns (result: LoginResult)
      modifies this
      ensures result == LoginResultOf(call)
      ensures Accepts(call) ==> user == Field(Some(call.body), "user") && storage == old(storage)[UserKey := StoredText(user)]
      ensures !Accepts(call) ==> user == old(user) && storage == old(storage)
      ensures activeTab == old(activeTab)
    {
      if call.Answered? && Truthy(Field(Some(call.body), "success")) {
        var userData := Field(Some(call.body), "user");
        user := userData;
        storage := storage[UserKey := StoredText(userData)];
        return Succeeded;
      }
      if call.Answered? && call.body == Null {
        return Failed(Str(NullBodyError));
      }
      if call.Answered? {
        return Failed(OrElse(Field(Some(call.body), "message"), Str("Login failed")));
      }
      return Failed(Str(if call.message != "" then call.message else "Server connection failed"));
    }

    method Logout()
      modifies this
      ensures user == Some(Null) && storage == old(storage) - {UserKey} && activeTab == "dashboard"
      ensures !IsLoggedIn()
    {
      user := Some(Null);
      storage := storage - {UserKey};
      activeTab := "dashboard";
    }

    /** The scroll to the top of the page is left out. */
    method NavigateTo(tab: string)
      modifies this
      ensures activeTab == tab && user == old(user) && storage == old(storage)
    {
      activeTab := tab;
    }
  }

  /** Signed in exactly when the user is a truthy value: any user object is, `null` and
      `undefined` are not. */
  lemma LoggedInExactly(u: Option<Value>)
    ensures u.None? || u == Some(Null) ==> !Truthy(u)
    ensures u.Some? && (u.value.Obj? || u.value.Arr?) ==> Truthy(u)
    ensures Truthy(u) ==> u.Some? && u.value != Null
  {
  }

  /** A reload after a successful login restores the very user that was stored. */
  lemma ReloadRestoresUser(saved: map<string, string>, v: Value)
    ensures RestoreUser(saved[UserKey := StoredText(Some(v))]) == Restored(v)
  {
    RoundTrip(v);
  }

  /** A reload after logout starts signed out. */
  lemma ReloadAfterLogout(saved: map<string, string>)
    ensures RestoreUser(saved - {UserKey}) == Restored(Null)
    ensures !Truthy(Some(RestoreUser(saved - {UserKey}).user))
  {
  }

  /** An accepted reply without a `user` stores the text "undefined", which the next mount
      cannot parse. */
  lemma MissingUserIsNotRestorable(saved: map<string, string>)
    ensures RestoreUser(saved[UserKey := StoredText(None)]) == Corrupt
  {
    assert "undefined"[0] == 'u';
  }

  /** `user?.id || 1` as the text a form field or a query string carries: the id the
      analysis upload and the history fetch send. */
  function UserIdText(user: Option<Value>): string
  {
    TemplateText(Some(OrElse(Field(user, "id"), Num(1))))
  }

  /** Against the server's handlers: a signed-in user's id reaches them as that id, and with
      no user they are asked about user 1. */
  lemma UserIdTextReachesServer(u: ServerStore.UserSummary)
    requires u.id >= 1
    ensures ServerStore.UserIdParam(Some(UserIdText(Some(ServerStore.SummaryJson(u))))) == Some(u.id)
    ensures ServerStore.UserIdParam(Some(UserIdText(None))) == Some(1)
    ensures ServerStore.UserIdParam(Some(UserIdText(Some(Null)))) == Some(1)
  {
    LastWithAt(ServerStore.SummaryJson(u).members, 0, "id");
    DecimalRoundTrip(u.id);
    DecimalRoundTrip(1);
  }

  /** How the API client turns the server's login reply into a call outcome: the 2xx body is
      returned, and a 500 reply is thrown as an error carrying its `message`. */
  function ClientCall(reply: ServerStore.LoginReply): LoginCall
  {
    match reply
    case LoginOk(_, _) => Answered(ServerStore.LoginBody(reply))
    case LoginFailed(msg) => Threw(if msg != "" then msg else "API Request Failed")
  }

  /** Against the server's handler: a successful server login is accepted, its user summary
      becomes the session user, and a reload restores it; a failed one is reported with the
      server's message. */
  lemma ServerLoginSignsIn(reply: ServerStore.LoginReply, saved: map<string, string>)
    ensures reply.LoginOk? ==>
      && Accepts(ClientCall(reply))
      && Field(Some(ClientCall(reply).body), "user") == Some(ServerStore.SummaryJson(reply.user))
      && RestoreUser(saved[UserKey := StoredText(Some(ServerStore.SummaryJson(reply.user)))])
         == Restored(ServerStore.SummaryJson(reply.user))
    ensures reply.LoginFailed? && reply.message != "" ==> LoginResultOf(ClientCall(reply)) == Failed(Str(reply.message))
  {
    if reply.LoginOk? {
      var ms := ServerStore.LoginBody(reply).members;
      LastWithAt(ms, 0, "success");
      LastWithAt(ms, 1, "user");
      ReloadRestoresUser(saved, ServerStore.SummaryJson(reply.user));
    }
  }
}
