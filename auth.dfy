/** The session helper: one stored-user slot (the browser's storage under
    the session key) and the checks made against it. */
module Auth {
  import opened Domain

  /** What parsing a stored text gives: nothing (the text does not parse,
      or parses to `null`), a value that is not a user (such as `0` or
      `false`), or a user. */
  datatype Session = NoSession | NonUser | SignedIn(user: User)

  /** The stored slot: absent, or a text together with its parse result. */
  datatype Slot = Absent | Stored(text: string, parsed: Session)

  /** The role string that `hasRole` treats as "allowed everything". */
  const AdminOverride: string := "admin"

  /** `hasRole` on a given current session: only a user passes, and a user
      passes with the override role or the required one. */
  predicate Grants(s: Session, required: string) {
    s.SignedIn? && (s.user.role == AdminOverride || s.user.role == required)
  }

  /** A well-typed user never has the override role, so for such a user a
      role check is plain equality. */
  lemma WellTypedHasNoOverride(u: User, required: string)
    requires WellTyped(u)
    ensures Grants(SignedIn(u), required) <==> u.role == required
  {
  }

  /** `authenticate`: whatever the password, a client with id "1" and the
      given email. The slot is not written. */
  function Authenticate(email: string, password: string): (u: Option<User>)
    ensures u.Some? && u.value.id == "1" && u.value.email == email
    ensures u.Some? && WellTyped(u.value)
  {
    Some(User("1", "Test User", email, Cliente))
  }

  /** The user `authenticate` returns passes exactly the client check. */
  lemma AuthenticatedIsClientOnly(email: string, password: string, required: string)
    ensures Grants(SignedIn(Authenticate(email, password).value), required) <==> required == Cliente
  {
  }

  class AuthService {
    var slot: Slot

    constructor (initial: Slot)
      ensures slot == initial
    {
      slot := initial;
    }

    /** `getCurrentUser`: nothing when the slot is absent, holds an empty
        text, or holds a text that does not parse or parses to `null`;
        otherwise whatever the text parses to. */
    function CurrentUser(): (s: Session)
      reads this
      ensures slot.Absent? ==> s == NoSession
      ensures slot.Stored? && slot.text == "" ==> s == NoSession
      ensures slot.Stored? && slot.text != "" ==> s == slot.parsed
    {
      match slot
      case Absent => NoSession
      case Stored(text, parsed) => if text == "" then NoSession else parsed
    }

    /** `isAuthenticated`: the current value is not null, which includes a
        stored value that is not a user. */
    function IsAuthenticated(): (b: bool)
      reads this
      ensures b <==> !CurrentUser().NoSession?
      ensures b <==> slot.Stored? && slot.text != "" && !slot.parsed.NoSession?
    {
      CurrentUser() != NoSession
    }

    /** `hasRole`: false without a current user, true for the override role,
        otherwise role equality, whatever the stored role string is. */
    function HasRole(required: string): (b: bool)
      reads this
      ensures b <==> CurrentUser().SignedIn? && (CurrentUser().user.role == AdminOverride
                                                 || CurrentUser().user.role == required)
      ensures b ==> IsAuthenticated()
      ensures CurrentUser().SignedIn? && WellTyped(CurrentUser().user) ==>
                (b <==> CurrentUser().user.role == required)
    {
      Grants(CurrentUser(), required)
    }

    /** `logout`: empties the slot, after which nobody is signed in and
        every role check fails. */
    method Logout()
      modifies this
      ensures slot == Absent
      ensures CurrentUser() == NoSession && !IsAuthenticated()
      ensures forall required :: !HasRole(required)
    {
      slot := Absent;
    }
  }

  /** A stored value that parses to something other than a user counts as
      signed in, yet passes no role check. */
  lemma NonUserValueAuthenticatesWithoutRoles(a: AuthService, text: string, required: string)
    requires a.slot == Stored(text, NonUser) && text != ""
    ensures a.IsAuthenticated() && !a.HasRole(required)
  {
  }

  /** Stored text that parses to `null` signs nobody in. */
  lemma NullValueDoesNotAuthenticate(a: AuthService)
    requires a.slot == Stored("null", NoSession)
    ensures !a.IsAuthenticated() && forall required :: !a.HasRole(required)
  {
  }
}
