/** The add/edit form of client/src/components/customers/CustomerForm.jsx:
    the field schema with its bounds, and the form's state (values, per-field
    errors, the image error, the loading flag) as changed by typing, choosing
    a file, resetting, loading a record and submitting.

    Email syntax is zod's regular expression in the source; here it is the
    parameter `isEmail`. Lengths are sequence lengths. */
module CustomerForm {
  import opened Optional
  import opened CustomerModel
  import opened ClientValues

  const MaxFileSize: nat := 1048576

  datatype Field = Name | Email | Phone | Address | Company | Notes | ImageField

  /** The fields edited as text; `image` is handled separately. */
  type TextField = f: Field | !f.ImageField? witness Name

  const Fields: set<Field> := {Name, Email, Phone, Address, Company, Notes, ImageField}

  /** The form's values. Text inputs always hold strings; `image` is a chosen
      file or `null`. */
  datatype Form = Form(
    name: string,
    email: string,
    phone: string,
    address: string,
    company: string,
    notes: string,
    image: Option<LocalFile>)
  {
    function Get(f: TextField): string {
      match f
      case Name => name
      case Email => email
      case Phone => phone
      case Address => address
      case Company => company
      case Notes => notes
    }

    /** `{ ...prev, [f]: v }` */
    function Set(f: TextField, v: string): (r: Form)
      ensures r.Get(f) == v && r.image == image
      ensures forall g: TextField :: g != f ==> r.Get(g) == Get(g)
    {
      match f
      case Name => this.(name := v)
      case Email => this.(email := v)
      case Phone => this.(phone := v)
      case Address => this.(address := v)
      case Company => this.(company := v)
      case Notes => this.(notes := v)
    }
  }

  const Blank := Form("", "", "", "", "", "", None)

  /** The messages of the schema's checks that `v` fails, in the order zod
      reports them. */
  function Issues(f: TextField, v: string, isEmail: string -> bool): seq<string> {
    match f
    case Name =>
      (if |v| < 2 then ["Name must be at least 2 characters"] else []) +
      (if |v| > 15 then ["Name too long"] else [])
    case Email =>
      (if !isEmail(v) then ["Invalid email address"] else []) +
      (if |v| > 25 then ["Email too long"] else [])
    case Phone => []
    case Address => if |v| > 50 then ["Address too long"] else []
    case Company => if |v| > 50 then ["Company name too long"] else []
    case Notes => if |v| > 200 then ["Notes too long"] else []
  }

  /** The image refinement: no file, or one of at most 1 MB. */
  function ImageIssues(image: Option<LocalFile>): seq<string> {
    if image.Some? && image.value.size > MaxFileSize then ["File must be 1 MB or less"] else []
  }

  /** The bound each field's schema states, written independently of the
      check list. */
  predicate Within(f: TextField, v: string, isEmail: string -> bool) {
    match f
    case Name => 2 <= |v| <= 15
    case Email => isEmail(v) && |v| <= 25
    case Phone => true
    case Address => |v| <= 50
    case Company => |v| <= 50
    case Notes => |v| <= 200
  }

  lemma IssuesMeetBounds(f: TextField, v: string, isEmail: string -> bool)
    ensures Issues(f, v, isEmail) == [] <==> Within(f, v, isEmail)
  {
  }

  function FieldIssues(form: Form, f: Field, isEmail: string -> bool): seq<string> {
    if f.ImageField? then ImageIssues(form.image) else Issues(f, form.Get(f), isEmail)
  }

  /** `customerSchema.safeParse(form).error.format()`: one entry per failing
      field. */
  function SchemaErrors(form: Form, isEmail: string -> bool): map<Field, seq<string>> {
    map f | f in Fields && FieldIssues(form, f, isEmail) != [] :: FieldIssues(form, f, isEmail)
  }

  /** The whole schema, field by field. */
  predicate SchemaAccepts(form: Form, isEmail: string -> bool) {
    && Within(Name, form.name, isEmail)
    && Within(Email, form.email, isEmail)
    && Within(Address, form.address, isEmail)
    && Within(Company, form.company, isEmail)
    && Within(Notes, form.notes, isEmail)
    && (form.image.None? || form.image.value.size <= MaxFileSize)
  }

  /** The parse succeeds exactly when every field is within its bounds. */
  lemma SchemaErrorsEmptyIff(form: Form, isEmail: string -> bool)
    ensures SchemaErrors(form, isEmail) == map[] <==> SchemaAccepts(form, isEmail)
  {
    var errs := SchemaErrors(form, isEmail);
    if errs == map[] {
      forall f: TextField
        ensures Within(f, form.Get(f), isEmail)
      {
        assert f !in errs;
        assert FieldIssues(form, f, isEmail) == [];
        IssuesMeetBounds(f, form.Get(f), isEmail);
      }
      assert ImageField !in errs;
      assert Within(Name, form.Get(Name), isEmail);
      assert Within(Email, form.Get(Email), isEmail);
      assert Within(Address, form.Get(Address), isEmail);
      assert Within(Company, form.Get(Company), isEmail);
      assert Within(Notes, form.Get(Notes), isEmail);
    } else {
      var f :| f in errs;
      if !f.ImageField? {
        IssuesMeetBounds(f, form.Get(f), isEmail);
      }
    }
  }

  /** `validateField` writes `f`'s entry (absent when `f` passes) and leaves
      every other entry as it was. */
  function Revalidated(errors: map<Field, seq<string>>, f: Field, issues: seq<string>): (r: map<Field, seq<string>>)
    ensures f in r <==> issues != []
    ensures f in r ==> r[f] == issues
    ensures forall g :: g != f ==> (g in r <==> g in errors)
    ensures forall g :: g != f && g in r ==> r[g] == errors[g]
  {
    if issues == [] then errors - {f} else errors[f := issues]
  }

  /** The form loaded from a record being edited: every missing or empty
      field becomes "", and the image input always starts empty. */
  function FromRecord(c: Customer): (form: Form)
    ensures form.name == c.name && form.email == c.email && form.image.None?
    ensures form.phone == c.phone.GetOr("") && form.address == c.address.GetOr("")
    ensures form.company == c.company.GetOr("") && form.notes == c.notes.GetOr("")
  {
    Form(c.name, c.email, c.phone.GetOr(""), c.address.GetOr(""),
         c.company.GetOr(""), c.notes.GetOr(""), None)
  }

  /** The form as the object handed to `onSubmit`, in its key order. */
  function Entries(form: Form): seq<Entry> {
    [("name", Str(form.name)), ("email", Str(form.email)), ("phone", Str(form.phone)),
     ("address", Str(form.address)), ("company", Str(form.company)), ("notes", Str(form.notes)),
     ("image", if form.image.Some? then Blob(form.image.value) else Null)]
  }

  class FormState {
    var form: Form
    var errors: map<Field, seq<string>>
    var imageError: string
    var loading: bool

    /** An oversized file never reaches the form. */
    ghost predicate Valid()
      reads this
    {
      form.image.Some? ==> form.image.value.size <= MaxFileSize
    }

    constructor ()
      ensures Valid()
      ensures form == Blank && errors == map[] && imageError == "" && !loading
    {
      form := Blank;
      errors := map[];
      imageError := "";
      loading := false;
    }

    /** `handleChange` on a text input: stores the value under its key and
        re-validates that field alone. */
    method ChangeText(f: TextField, v: string, isEmail: string -> bool)
      requires Valid()
      modifies this
      ensures Valid()
      ensures form == old(form).Set(f, v)
      ensures errors == Revalidated(old(errors), f, Issues(f, v, isEmail))
      ensures imageError == old(imageError) && loading == old(loading)
    {
      form := form.Set(f, v);
      errors := Revalidated(errors, f, Issues(f, v, isEmail));
    }

    /** `handleChange` on the file input. No file: nothing happens. An
        oversized file sets the image error and clears the image; any other
        file clears the error and becomes the image. */
    method ChooseImage(file: Option<LocalFile>)
      requires Valid()
      modifies this
      ensures Valid()
      ensures errors == old(errors) && loading == old(loading)
      ensures file.None? ==> form == old(form) && imageError == old(imageError)
      ensures file.Some? && file.value.size > MaxFileSize ==>
                imageError == "File size must be 1 MB or less" && form == old(form).(image := None)
      ensures file.Some? && file.value.size <= MaxFileSize ==>
                imageError == "" && form == old(form).(image := file)
    {
      if file.Some? {
        if file.value.size > MaxFileSize {
          imageError := "File size must be 1 MB or less";
          form := form.(image := None);
          return;
        }
        imageError := "";
        form := form.(image := file);
      }
    }

    /** The preview's remove button. */
    method RemoveImage()
      requires Valid()
      modifies this
      ensures Valid()
      ensures form == old(form).(image := None) && imageError == ""
      ensures errors == old(errors) && loading == old(loading)
    {
      form := form.(image := None);
      imageError := "";
    }

    /** `resetForm` */
    method ResetForm()
      modifies this
      ensures Valid()
      ensures form == Blank && errors == map[] && imageError == ""
      ensures loading == old(loading)
    {
      form := Blank;
      errors := map[];
      imageError := "";
    }

    /** The `initialData` effect; errors and the image error are left alone. */
    method LoadInitial(initialData: Option<Customer>)
      requires Valid()
      modifies this
      ensures Valid()
      ensures initialData.Some? ==> form == FromRecord(initialData.value)
      ensures initialData.None? ==> form == old(form)
      ensures errors == old(errors) && imageError == old(imageError) && loading == old(loading)
    {
      if initialData.Some? {
        form := FromRecord(initialData.value);
      }
    }

    /** `setLoading`, handed to the submit callback. */
    method SetLoading(value: bool)
      modifies this
      ensures loading == value
      ensures form == old(form) && errors == old(errors) && imageError == old(imageError)
    {
      loading := value;
    }

    /** `handleSubmit`: the form is submitted exactly when the whole schema
        accepts it and there is no image error. A rejected parse replaces
        the errors with the parse's errors. */
    method HandleSubmit(isEmail: string -> bool) returns (submitted: Option<Form>)
      requires Valid()
      modifies this
      ensures Valid()
      ensures submitted.Some? <==> SchemaAccepts(old(form), isEmail) && old(imageError) == ""
      ensures submitted.Some? ==> submitted.value == old(form)
      ensures form == old(form) && imageError == old(imageError) && loading == old(loading)
      ensures !SchemaAccepts(form, isEmail) ==> errors == SchemaErrors(form, isEmail)
      ensures SchemaAccepts(form, isEmail) ==> errors == old(errors)
    {
      var result := SchemaErrors(form, isEmail);
      SchemaErrorsEmptyIff(form, isEmail);
      if result != map[] {
        errors := result;
        return None;
      }
      if imageError != "" {
        return None;
      }
      submitted := Some(form);
    }
  }
}
