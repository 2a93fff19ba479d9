/** The `auth` object of utils/auth.ts: four operations on the `lostfound_user` slot. */
module Session {
  import opened Common
  import opened Records
  import opened Storage

  /** `isLoggedIn()`: the slot holds something. */
  function IsLoggedIn(ls: LocalStorage): (b: bool)
    reads ls
    ensures b <==> ls.session.Some?
  {
    ls.session != None
  }

  /** `getCurrentUser()`: the stored user, or null. The two readers agree: there is a current
      user exactly when a session is stored. */
  function GetCurrentUser(ls: LocalStorage): (u: Option<User>)
    reads ls
    ensures u.Some? <==> IsLoggedIn(ls)
    ensures u.Some? ==> u == ls.session
  {
    ls.session
  }

  /** The two writers of the slot. */
  datatype Write = LoginAs(user: User) | LogoutWrite

  /** What one write leaves in the slot. */
  function Apply(slot: Option<User>, w: Write): Option<User> {
    match w
    case LoginAs(u) => Some(u)
    case LogoutWrite => None
  }

  /** The slot after a series of writes, first to last. */
  function Replay(slot: Option<User>, ws: seq<Write>): Option<User>
    decreases |ws|
  {
    if ws == [] then slot else Replay(Apply(slot, ws[0]), ws[1..])
  }

  /** `login(user)` overwrites whatever session was stored. */
  method Login(ls: LocalStorage, user: User)
    modifies ls`session
    ensures ls.session == Apply(old(ls.session), LoginAs(user))
    ensures GetCurrentUser(ls) == Some(user) && IsLoggedIn(ls)
  {
    ls.session := Some(user);
  }

  /** `logout()` removes the slot. */
  method Logout(ls: LocalStorage)
    modifies ls`session
    ensures ls.session == Apply(old(ls.session), LogoutWrite)
    ensures !IsLoggedIn(ls) && GetCurrentUser(ls) == None
  {
    ls.session := None;
  }

  /** Only the last write matters: after any non-empty series of logins and logouts the slot
      holds the last login's user if the last write was a login, and nothing otherwise,
      whatever was stored before. */
  lemma {:induction false} LastWriteWins(slot: Option<User>, ws: seq<Write>)
    requires ws != []
    ensures Replay(slot, ws) == Apply(None, ws[|ws| - 1])
    decreases |ws|
  {
    if |ws| > 1 {
      LastWriteWins(Apply(slot, ws[0]), ws[1..]);
    }
  }

  /** Logging out twice leaves the same state as logging out once. */
  lemma LogoutIdempotent(slot: Option<User>)
    ensures Replay(slot, [LogoutWrite, LogoutWrite]) == Replay(slot, [LogoutWrite])
  {
    LastWriteWins(slot, [LogoutWrite, LogoutWrite]);
    LastWriteWins(slot, [LogoutWrite]);
  }
}
