/** The profile page's edit buffer: a copy of eight user fields that the inputs
    change, that "save" writes back through `updateUser` and that "cancel"
    reloads from the user. */
module Profile {
  import opened Wrappers
  import opened AuthContext

  const ProfileKeys: set<string> :=
    {"full_name", "email", "phone", "bio", "location", "website", "github", "linkedin"}

  /** `user?.key || ''`. */
  function ValueOr(user: Option<User>, key: string): string {
    if user.Some? && key in user.value then user.value[key] else ""
  }

  /** The buffer loaded from a user: each of the eight fields, '' when absent. */
  function Projection(user: Option<User>): (r: map<string, string>)
    ensures r.Keys == ProfileKeys
    ensures forall k :: k in r ==> r[k] == ValueOr(user, k)
  {
    map k | k in ProfileKeys :: ValueOr(user, k)
  }

  /** The eight profile fields of a buffer. */
  function Restrict(buffer: map<string, string>): (r: map<string, string>)
    requires ProfileKeys <= buffer.Keys
    ensures r.Keys == ProfileKeys
    ensures forall k :: k in r ==> r[k] == buffer[k]
  {
    map k | k in ProfileKeys :: buffer[k]
  }

  /** Reloading the buffer from a user that has just been merged with it gives the
      buffer back, whatever the user held before. */
  lemma ProjectionOfMerge(prev: Option<User>, buffer: map<string, string>)
    requires ProfileKeys <= buffer.Keys
    ensures Projection(Some(Merge(prev, buffer))) == Restrict(buffer)
    ensures buffer.Keys == ProfileKeys ==> Projection(Some(Merge(prev, buffer))) == buffer
  {
  }

  class ProfileEditor {
    var isEditing: bool
    var formData: map<string, string>

    ghost predicate Valid()
      reads this
    {
      ProfileKeys <= formData.Keys
    }

    /** The page opens in view mode with the buffer loaded from the user. */
    constructor (user: Option<User>)
      ensures Valid() && !isEditing && formData == Projection(user)
    {
      isEditing := false;
      formData := Projection(user);
    }

    /** The "edit" button. */
    method StartEditing()
      requires Valid()
      modifies this
      ensures Valid() && isEditing && formData == old(formData)
    {
      isEditing := true;
    }

    /** `handleInputChange`: only the named buffer field changes. */
    method HandleInputChange(name: string, value: string)
      requires Valid()
      modifies this
      ensures Valid()
      ensures formData == old(formData)[name := value] && isEditing == old(isEditing)
    {
      formData := formData[name := value];
    }

    /** `handleSave`: the whole buffer goes to `updateUser` and edit mode ends. */
    method HandleSave(auth: AuthSession)
      requires Valid() && auth.Valid()
      modifies this, auth
      ensures Valid() && auth.Valid() && !isEditing && formData == old(formData)
      ensures auth.user == Some(Merge(old(auth.user), old(formData)))
      ensures auth.isAuthenticated == old(auth.isAuthenticated) && auth.loading == old(auth.loading)
      ensures auth.storedToken == old(auth.storedToken)
    {
      auth.UpdateUser(formData);
      isEditing := false;
    }

    /** `handleCancel`: the buffer is reloaded from the current user and edit mode ends. */
    method HandleCancel(auth: AuthSession)
      requires Valid()
      modifies this
      ensures Valid() && !isEditing && formData == Projection(auth.user)
    {
      formData := Projection(auth.user);
      isEditing := false;
    }

    /** Saving and then cancelling keeps the edits: the reloaded buffer is the
        saved one. */
    method SaveThenCancel(auth: AuthSession)
      requires Valid() && auth.Valid()
      modifies this, auth
      ensures Valid() && auth.Valid() && !isEditing
      ensures formData == Restrict(old(formData))
      ensures old(formData).Keys == ProfileKeys ==> formData == old(formData)
    {
      ghost var saved := formData;
      ghost var prev := auth.user;
      HandleSave(auth);
      HandleCancel(auth);
      ProjectionOfMerge(prev, saved);
    }
  }
}
