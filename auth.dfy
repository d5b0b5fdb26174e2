/** The identity store: the signed-in user, if any, a loading flag, and the copy of
    the user kept in the browser's storage. Sign-in and registration accept any
    input and produce a fixed mock profile. */
module Auth {
  import opened Wrappers
  import Text

  datatype User = User(
    id: string,
    email: string,
    name: string,
    avatar: Option<string>,
    walletBalance: int,
    totalEarnings: int,
    storiesCount: int,
    likesReceived: int,
    viewsReceived: int)

  /** A `Partial<User>`: each field either absent or given a new value. */
  datatype UserPatch = UserPatch(
    id: Option<string>,
    email: Option<string>,
    name: Option<string>,
    avatar: Option<Option<string>>,
    walletBalance: Option<int>,
    totalEarnings: Option<int>,
    storiesCount: Option<int>,
    likesReceived: Option<int>,
    viewsReceived: Option<int>)

  const EmptyUserPatch: UserPatch := UserPatch(None, None, None, None, None, None, None, None, None)

  /** `{ ...u, ...p }`. */
  function MergeUser(u: User, p: UserPatch): User {
    User(
      p.id.GetOr(u.id),
      p.email.GetOr(u.email),
      p.name.GetOr(u.name),
      p.avatar.GetOr(u.avatar),
      p.walletBalance.GetOr(u.walletBalance),
      p.totalEarnings.GetOr(u.totalEarnings),
      p.storiesCount.GetOr(u.storiesCount),
      p.likesReceived.GetOr(u.likesReceived),
      p.viewsReceived.GetOr(u.viewsReceived))
  }

  /** A patch that sets the stories count changes that field and no other. */
  lemma MergeStoriesCount(u: User, n: int)
    ensures MergeUser(u, EmptyUserPatch.(storiesCount := Some(n))) == u.(storiesCount := n)
  {
  }

  /** The empty patch changes nothing, and applying a patch twice is applying it once. */
  lemma MergeUserLaws(u: User, p: UserPatch)
    ensures MergeUser(u, EmptyUserPatch) == u
    ensures MergeUser(MergeUser(u, p), p) == MergeUser(u, p)
  {
  }

  /** `email.split('@')[0]`: the part of the address before its first `@`,
      or the whole address when it has none. */
  function NameFromEmail(email: string): (name: string)
    ensures name <= email
    ensures '@' !in name
    ensures |name| < |email| ==> email[|name|] == '@'
  {
    Text.Split(email, '@')[0]
  }

  /** The display name is the whole address exactly when the address has no `@`. */
  lemma NameIsWholeEmailIff(email: string)
    ensures NameFromEmail(email) == email <==> '@' !in email
  {
  }

  /** The profile that sign-in and registration create: id "1", no avatar, every amount and counter zero. */
  function MockUser(email: string, name: string): (u: User)
    ensures u.id == "1" && u.email == email && u.name == name && u.avatar.None?
    ensures u.walletBalance == 0 && u.totalEarnings == 0
    ensures u.storiesCount == 0 && u.likesReceived == 0 && u.viewsReceived == 0
  {
    User("1", email, name, None, 0, 0, 0, 0, 0)
  }

  /** The auth provider. */
  class AuthStore {
    var user: Option<User>
    var isLoading: bool
    var saved: Option<User>

    /** Storage holds the current user (or nothing when signed out). */
    predicate Persisted()
      reads this
    {
      saved == user
    }

    /** Mounting the provider: nobody signed in yet, still loading, storage as it was left. */
    constructor (persisted: Option<User>)
      ensures user == None && isLoading && saved == persisted
    {
      user := None;
      isLoading := true;
      saved := persisted;
    }

    /** The mount effect: a stored user, if any, is signed back in; loading ends either way. */
    method RestoreSession()
      modifies this
      ensures saved == old(saved)
      ensures user == (if old(saved).Some? then old(saved) else old(user))
      ensures !isLoading
    {
      if saved.Some? {
        user := saved;
      }
      isLoading := false;
    }

    /** Sign-in: never fails; the display name is taken from the address. */
    method Login(email: string, password: string)
      modifies this
      ensures user == Some(MockUser(email, NameFromEmail(email)))
      ensures Persisted() && !isLoading
    {
      isLoading := true;
      var mockUser := MockUser(email, NameFromEmail(email));
      user := Some(mockUser);
      saved := user;
      isLoading := false;
    }

    /** Registration: never fails; the display name is the one given. */
    method Register(email: string, password: string, name: string)
      modifies this
      ensures user == Some(MockUser(email, name))
      ensures Persisted() && !isLoading
    {
      isLoading := true;
      var mockUser := MockUser(email, name);
      user := Some(mockUser);
      saved := user;
      isLoading := false;
    }

    method Logout()
      modifies this
      ensures user == None && Persisted()
      ensures isLoading == old(isLoading)
    {
      user := None;
      saved := None;
    }

    /** Merges the patch into the signed-in user and stores the result; without a user, does nothing. */
    method UpdateUser(updates: UserPatch)
      modifies this
      ensures old(user).None? ==> user == old(user) && saved == old(saved)
      ensures old(user).Some? ==> user == Some(MergeUser(old(user).value, updates)) && Persisted()
      ensures isLoading == old(isLoading)
    {
      if user.Some? {
        var updatedUser := MergeUser(user.value, updates);
        user := Some(updatedUser);
        saved := user;
      }
    }
  }
}
