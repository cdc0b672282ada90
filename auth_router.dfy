/** backend/routers/auth.py: registration and lookup over the `users`
    collection and the authentication service's accounts, both modelled as
    maps keyed by uid. */
module AuthRouter {
  import opened DateTimes

  datatype Personal = Personal(email: string, name: string, uid: string,
                               gender: string, country: string)

  datatype User = User(personal: Personal, lastScanned: DateTimeValue,
                       lastChat: DateTimeValue, createdAt: DateTimeValue)

  /** An account of the authentication service. */
  datatype Account = Account(uid: string, email: string, displayName: string)

  /** A handler's answer: a body, or the `HTTPException` it raises. */
  datatype Response<+T> = Reply(body: T) | HttpError(status: int, detail: string)

  datatype Registered = Registered(uid: string, message: string)

  /** Both stores at one moment. */
  datatype AuthState = AuthState(users: map<string, User>, accounts: map<string, Account>)

  /** `register`: refuses a uid that already has a user record; otherwise
      creates the account only when the service has none for the uid, then
      stores the payload. */
  function RegisterSpec(s: AuthState, payload: User): (out: (AuthState, Response<Registered>))
    ensures payload.personal.uid in s.users ==>
      out == (s, HttpError(409, "User already registered"))
    ensures payload.personal.uid !in s.users ==>
      && out.1 == Reply(Registered(payload.personal.uid, "User registered"))
      && out.0.users == s.users[payload.personal.uid := payload]
  {
    var uid := payload.personal.uid;
    if uid in s.users then (s, HttpError(409, "User already registered"))
    else
      var accounts :=
        if uid in s.accounts then s.accounts
        else s.accounts[uid := Account(uid, payload.personal.email, payload.personal.name)];
      (AuthState(s.users[uid := payload], accounts),
       Reply(Registered(uid, "User registered")))
  }

  /** `get_user`: the stored record, or 404. */
  function GetUserSpec(s: AuthState, uid: string): (r: Response<User>)
    ensures r.Reply? <==> uid in s.users
    ensures r.Reply? ==> r.body == s.users[uid]
    ensures r.HttpError? ==> r.status == 404 && r.detail == "User not found"
  {
    if uid !in s.users then HttpError(404, "User not found") else Reply(s.users[uid])
  }

  /** A registered user can be read back exactly as registered. */
  lemma RegisterThenGetUser(s: AuthState, payload: User)
    requires payload.personal.uid !in s.users
    ensures GetUserSpec(RegisterSpec(s, payload).0, payload.personal.uid) == Reply(payload)
  {
  }

  /** Registering the same uid twice: the second attempt is refused and
      leaves both stores as the first left them. */
  lemma RegisterTwice(s: AuthState, first: User, second: User)
    requires first.personal.uid == second.personal.uid
    ensures var s1 := RegisterSpec(s, first).0;
      RegisterSpec(s1, second) == (s1, HttpError(409, "User already registered"))
  {
  }

  /** Registration touches only its own uid; an account that already exists
      is kept as it is, and a new one carries the payload's email and name. */
  lemma RegisterIsLocal(s: AuthState, payload: User)
    ensures var s1 := RegisterSpec(s, payload).0;
      && (forall u :: u in s.users && u != payload.personal.uid ==> u in s1.users && s1.users[u] == s.users[u])
      && (forall u :: u in s.accounts ==> u in s1.accounts && s1.accounts[u] == s.accounts[u])
      && s1.accounts.Keys <= s.accounts.Keys + {payload.personal.uid}
      && (payload.personal.uid !in s.users ==> payload.personal.uid in s1.accounts)
      && (payload.personal.uid !in s.users && payload.personal.uid !in s.accounts ==>
            s1.accounts[payload.personal.uid]
              == Account(payload.personal.uid, payload.personal.email, payload.personal.name))
  {
  }

  /** The two collections the handlers read and write. */
  class AuthService {
    var users: map<string, User>
    var accounts: map<string, Account>

    function State(): AuthState
      reads this
    {
      AuthState(users, accounts)
    }

    constructor (users: map<string, User>, accounts: map<string, Account>)
      ensures State() == AuthState(users, accounts)
    {
      this.users := users;
      this.accounts := accounts;
    }

    method Register(payload: User) returns (r: Response<Registered>)
      modifies this
      ensures (State(), r) == RegisterSpec(old(State()), payload)
    {
      var uid := payload.personal.uid;
      if uid in users {
        return HttpError(409, "User already registered");
      }
      if uid !in accounts {
        accounts := accounts[uid := Account(uid, payload.personal.email, payload.personal.name)];
      }
      users := users[uid := payload];
      r := Reply(Registered(uid, "User registered"));
    }

    method GetUser(uid: string) returns (r: Response<User>)
      ensures r == GetUserSpec(State(), uid)
    {
      if uid !in users {
        return HttpError(404, "User not found");
      }
      r := Reply(users[uid]);
    }
  }
}
