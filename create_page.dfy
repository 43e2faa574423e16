/** The create-event page (src/pages/CreatePage.tsx): the form fields, the
    image list with its ten-image cap, and the submit payload. */
module CreatePage {
  import opened Types
  import opened Effects
  import opened Storage

  const MaxImages := 10

  datatype FormField = Title | Description | Date | Location | Capacity

  function FieldOf(f: EventForm, field: FormField): string {
    match field
    case Title => f.title
    case Description => f.description
    case Date => f.date
    case Location => f.location
    case Capacity => f.capacity
  }

  const EmptyForm := EventForm("", "", "", "", "")

  /** `images.filter((_, i) => i !== index)`, keeping positions front to back. */
  function WithoutIndex(s: seq<string>, index: int): (r: seq<string>)
    ensures 0 <= index < |s| ==> r == s[..index] + s[index + 1..]
    ensures !(0 <= index < |s|) ==> r == s
  {
    if s == [] then []
    else
      var rest := WithoutIndex(s[..|s| - 1], index);
      assert s == s[..|s| - 1] + [s[|s| - 1]];
      if |s| - 1 != index then rest + [s[|s| - 1]] else rest
  }

  class CreateForm {
    var user: Option<User>
    var form: EventForm
    var images: seq<string>

    /** The cap holds in every reachable state. */
    ghost predicate Valid()
      reads this
    {
      |images| <= MaxImages
    }

    constructor ()
      ensures Valid() && user.None? && form == EmptyForm && images == []
    {
      user := None;
      form := EmptyForm;
      images := [];
    }

    /** The mount effect: take the cached user, or alert and go to the login page. */
    method Mount(st: Store) returns (fx: seq<Effect>)
      modifies this`user
      ensures StoredUser(st).Some? ==> user == StoredUser(st) && fx == []
      ensures StoredUser(st).None? ==>
                user == old(user) &&
                fx == [Alert("You must be logged in to create an event"), Navigate("/login", false)]
    {
      match StoredUser(st)
      case Some(u) =>
        user := Some(u);
        fx := [];
      case None =>
        fx := [Alert("You must be logged in to create an event"), Navigate("/login", false)];
    }

    /** `handleChange`: only the named field is overwritten. */
    method HandleChange(field: FormField, value: string)
      modifies this`form
      ensures FieldOf(form, field) == value
      ensures forall other :: other != field ==> FieldOf(form, other) == FieldOf(old(form), other)
    {
      match field
      case Title => form := form.(title := value);
      case Description => form := form.(description := value);
      case Date => form := form.(date := value);
      case Location => form := form.(location := value);
      case Capacity => form := form.(capacity := value);
    }

    /** `handleImageChange` for a chosen batch (its files already read as data
        URLs): a batch that would exceed the cap is refused whole; otherwise each
        file is appended in order. */
    method HandleImageChange(files: Option<seq<string>>) returns (fx: seq<Effect>)
      requires Valid()
      modifies this`images
      ensures Valid()
      ensures files.None? ==> images == old(images) && fx == []
      ensures files.Some? && |old(images)| + |files.value| > MaxImages ==>
                images == old(images) && fx == [Alert("You can only upload a maximum of 10 images.")]
      ensures files.Some? && |old(images)| + |files.value| <= MaxImages ==>
                images == old(images) + files.value && fx == []
    {
      fx := [];
      if files.None? {
        return;
      }
      var batch := files.value;
      if |images| + |batch| > MaxImages {
        fx := [Alert("You can only upload a maximum of 10 images.")];
        return;
      }
      for i := 0 to |batch|
        invariant images == old(images) + batch[..i]
      {
        images := images + [batch[i]];
      }
      assert batch[..|batch|] == batch;
    }

    /** `removeImage`: drops exactly position `index`; any other index leaves the list as it was. */
    method RemoveImage(index: int)
      requires Valid()
      modifies this`images
      ensures Valid()
      ensures 0 <= index < |old(images)| ==> images == old(images)[..index] + old(images)[index + 1..]
      ensures !(0 <= index < |old(images)|) ==> images == old(images)
    {
      images := WithoutIndex(images, index);
    }

    /** `handleSubmit`: post the form fields together with the current images,
        then go home or alert the failure. */
    method Submit(reply: Reply<()>) returns (fx: seq<Effect>)
      ensures Requests(fx) == 1 && fx[0] == Request(Post, "/events", NewEvent(form, images))
      ensures reply.Success? ==> fx[1..] == [Alert("Event Created Successfully!"), Navigate("/", false)]
      ensures reply.Failure? ==> fx[1..] == [Alert(FailureText(reply, "Failed to create event"))]
    {
      var post := [Request(Post, "/events", NewEvent(form, images))];
      var after := match reply
                   case Success(_) => [Alert("Event Created Successfully!"), Navigate("/", false)]
                   case Failure(_) => [Alert(FailureText(reply, "Failed to create event"))];
      RequestsAppend(post, after);
      fx := post + after;
    }
  }
}
