/** The user-session store: a four-field record whose reducers assign fields in place.
    `U` stands for the profile object the authentication collaborator hands over; a
    Dafny value is already a deep copy, which is what the JSON round trip in `setUser`
    achieves for a plain JSON object. */
module UserSlice {

  import opened Wrappers

  class UserStore<U> {
    var user: Option<U>
    var isAuthenticated: bool
    var loading: bool
    var error: Option<string>

    /** The record equals `initialState`: no user, not authenticated, not loading, no error. */
    predicate IsInitial()
      reads this
    {
      user == None && !isAuthenticated && !loading && error == None
    }

    constructor ()
      ensures IsInitial()
    {
      user := None;
      isAuthenticated := false;
      loading := false;
      error := None;
    }

    method SetUser(payload: U)
      modifies this
      ensures user == Some(payload) && isAuthenticated && !loading && error == None
    {
      user := Some(payload);
      isAuthenticated := true;
      loading := false;
      error := None;
    }

    /** Whatever came before, the record returns to `initialState`; so clearing twice is
        the same as clearing once. */
    method ClearUser()
      modifies this
      ensures IsInitial()
    {
      user := None;
      isAuthenticated := false;
      loading := false;
      error := None;
    }

    /** Only `loading` changes. */
    method SetLoading(payload: bool)
      modifies this`loading
      ensures loading == payload
      ensures user == old(user) && isAuthenticated == old(isAuthenticated) && error == old(error)
    {
      loading := payload;
    }
  }
}
