/**
 * The authentication slice: whether a user is signed in and who, loaded from
 * storage at start-up and written through on every sign-in and sign-out.
 */
module Auth {
  import opened Wrappers
  import opened Storage
  import opened Entities

  datatype AuthState = AuthState(isAuthenticated: bool, user: Option<User>)

  /** `{isAuthenticated: false, user: null}`. */
  function SignedOut(): AuthState {
    AuthState(false, None)
  }

  /** `loadAuthFromStorage`: the stored state, or signed out when the key is missing or unreadable. */
  function LoadAuth(slot: Slot<AuthState>): (r: AuthState)
    ensures slot.Stored? ==> r == slot.value
    ensures !slot.Stored? ==> r == SignedOut()
  {
    ReadOr(slot, SignedOut())
  }

  /** A working write is read back as written. */
  lemma WriteThenLoad(before: Slot<AuthState>, s: AuthState)
    ensures LoadAuth(AfterWrite(before, s, false)) == s
  {
  }

  class AuthStore {
    var slot: Slot<AuthState>
    /** Whether `localStorage.setItem` throws; the failure is logged and swallowed. */
    var writesFail: bool
    var state: AuthState

    constructor (slot0: Slot<AuthState>, writesFail0: bool)
      ensures slot == slot0 && writesFail == writesFail0 && state == LoadAuth(slot0)
    {
      slot := slot0;
      writesFail := writesFail0;
      state := LoadAuth(slot0);
    }

    /** A reload would start from the state held in memory. */
    predicate ReloadsAsIs()
      reads this
    {
      LoadAuth(slot) == state
    }

    method Save(s: AuthState)
      modifies this`slot
      ensures slot == AfterWrite(old(slot), s, writesFail)
    {
      if !writesFail {
        slot := Stored(s);
      }
    }

    /** The `login(user)` reducer. */
    method Login(u: User)
      modifies this`state, this`slot
      ensures state == AuthState(true, Some(u))
      ensures slot == AfterWrite(old(slot), state, writesFail)
      ensures !writesFail ==> ReloadsAsIs()
    {
      state := AuthState(true, Some(u));
      Save(AuthState(true, Some(u)));
    }

    /** The `logout` reducer. */
    method Logout()
      modifies this`state, this`slot
      ensures state == SignedOut()
      ensures slot == AfterWrite(old(slot), state, writesFail)
      ensures !writesFail ==> ReloadsAsIs()
    {
      state := SignedOut();
      Save(SignedOut());
    }
  }
}
