/** The profile form (src/pages/ProfileUpdate.tsx): email prefilled from the
    cached user, age and mobile typed in, an optional picture, and the merge
    of the service's reply into the cached user. */
module ProfileUpdate {
  import opened Types
  import opened Effects
  import opened Storage

  /** One property of `{...base, ...update}`: the update's value when it has the property. */
  function Pick<T>(base: Option<T>, update: Option<T>): Option<T> {
    if update.Some? then update else base
  }

  /** `{...base, ...update}` over the properties of a user. */
  function Merge(base: User, update: User): (r: User)
    ensures update.id.Some? ==> r.id == update.id
    ensures update.id.None? ==> r.id == base.id
    ensures update.name.Some? ==> r.name == update.name
    ensures update.name.None? ==> r.name == base.name
    ensures update.email.Some? ==> r.email == update.email
    ensures update.email.None? ==> r.email == base.email
    ensures update.age.Some? ==> r.age == update.age
    ensures update.age.None? ==> r.age == base.age
    ensures update.mobile.Some? ==> r.mobile == update.mobile
    ensures update.mobile.None? ==> r.mobile == base.mobile
    ensures update.profileImage.Some? ==> r.profileImage == update.profileImage
    ensures update.profileImage.None? ==> r.profileImage == base.profileImage
  {
    User(Pick(base.id, update.id), Pick(base.name, update.name), Pick(base.email, update.email),
         Pick(base.age, update.age), Pick(base.mobile, update.mobile),
         Pick(base.profileImage, update.profileImage))
  }

  /** Merging into `{}` yields the update, merging `{}` changes nothing, and
      merging the same update twice is the same as once. */
  lemma MergeLaws(base: User, update: User)
    ensures Merge(EmptyUser, update) == update
    ensures Merge(base, EmptyUser) == base
    ensures Merge(Merge(base, update), update) == Merge(base, update)
  {
  }

  /** The cached user after a profile update: the reply merged into the cached
      user, or into `{}` when none is cached. */
  function UpdatedStore(st: Store, data: User): (st': Store)
    ensures StoredUser(st') == Some(Merge(StoredUserOrEmpty(st), data))
    ensures StoredUser(st).None? ==> StoredUser(st') == Some(data)
    ensures forall k :: k in st && k != UserKey ==> k in st' && st'[k] == st[k]
    ensures st'.Keys == st.Keys + {UserKey}
  {
    MergeLaws(EmptyUser, data);
    st[UserKey := Record(Merge(StoredUserOrEmpty(st), data))]
  }

  datatype ProfileField = Age | Mobile

  function FieldOf(f: ProfileForm, field: ProfileField): string {
    match field
    case Age => f.age
    case Mobile => f.mobile
  }

  class ProfileState {
    var form: ProfileForm
    var preview: Option<string>
    var imageFile: string

    constructor ()
      ensures form == ProfileForm("", "", Some("")) && preview.None? && imageFile == ""
    {
      form := ProfileForm("", "", Some(""));
      preview := None;
      imageFile := "";
    }

    /** The mount effect: only the email is copied from the cached user. */
    method Mount(st: Store)
      modifies this`form
      ensures StoredUser(st).Some? ==> form == old(form).(email := StoredUser(st).value.email)
      ensures StoredUser(st).None? ==> form == old(form)
      ensures form.age == old(form).age && form.mobile == old(form).mobile
    {
      if StoredUser(st).Some? {
        form := form.(email := StoredUser(st).value.email);
      }
    }

    /** A chosen picture (already read as a data URL) becomes both the preview and the upload. */
    method HandleImageChange(file: Option<string>)
      modifies this`preview, this`imageFile
      ensures file.Some? ==> preview == file && imageFile == file.value
      ensures file.None? ==> preview == old(preview) && imageFile == old(imageFile)
    {
      if file.Some? {
        preview := file;
        imageFile := file.value;
      }
    }

    /** `handleChange`: only the named field is overwritten. */
    method HandleChange(field: ProfileField, value: string)
      modifies this`form
      ensures FieldOf(form, field) == value
      ensures forall other :: other != field ==> FieldOf(form, other) == FieldOf(old(form), other)
      ensures form.email == old(form).email
    {
      match field
      case Age => form := form.(age := value);
      case Mobile => form := form.(mobile := value);
    }

    /** The request body: the form plus `profileImage`, empty when no picture was chosen. */
    function Payload(): (b: Body)
      reads this
      ensures b.ProfileChange? && b.profile == form && b.profileImage == imageFile
    {
      ProfileChange(form, imageFile)
    }

    /** `handleSubmit`: put the payload; on success merge the reply into the
        cached user, alert and go home; on failure alert and keep storage. */
    method Submit(st: Store, reply: Reply<User>) returns (st': Store, fx: seq<Effect>)
      ensures Requests(fx) == 1 && fx[0] == Request(Put, "/auth/profile", Payload())
      ensures reply.Success? ==>
                st' == UpdatedStore(st, reply.data) &&
                fx[1..] == [Alert("Profile Updated Successfully!"), Navigate("/", false)]
      ensures reply.Failure? ==>
                st' == st && fx[1..] == [Alert(FailureText(reply, "Update Failed"))]
    {
      var put := [Request(Put, "/auth/profile", Payload())];
      var after: seq<Effect>;
      match reply {
        case Success(data) =>
          st' := UpdatedStore(st, data);
          after := [Alert("Profile Updated Successfully!"), Navigate("/", false)];
        case Failure(_) =>
          st' := st;
          after := [Alert(FailureText(reply, "Update Failed"))];
      }
      RequestsAppend(put, after);
      fx := put + after;
    }
  }
}
